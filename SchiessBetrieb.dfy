/** The "Schießbetrieb" (shooting in progress) screen: shows the phase and the
    remaining time of an end and latches the archer's request to end it early. */
module SchiessBetrieb {
  import opened Types
  import opened Buttons
  import SenderConfig

  datatype ShootingState = ShootingState(
    shootingTime: u8,
    shooterCount: u8,
    currentGroup: SenderConfig.GroupType,
    currentPosition: SenderConfig.Position,
    inPreparationPhase: bool,
    remainingSec: u16,
    lastRemainingSec: u16,
    needsUpdate: bool,
    firstDraw: bool,
    endRequested: bool)

  const Initial := ShootingState(120, 2, SenderConfig.GroupAB, SenderConfig.Pos1, true, 0, 0xFFFF,
                                 true, true, false)

  /** `(remainingMs + 999) / 1000` in uint32_t arithmetic, stored in a uint16_t. */
  function CeilSeconds(ms: u32): (s: u16)
  {
    (((ms + 999) % 0x1_0000_0000) / 1000) % 0x1_0000
  }

  /** begin(): forces a full redraw and drops a pending end request. */
  function ShootingBegin(m: ShootingState): ShootingState
  {
    m.(needsUpdate := true, firstDraw := true, endRequested := false, lastRemainingSec := 0xFFFF)
  }

  /** update(): an OK press latches the end request. */
  function ShootingUpdate(m: ShootingState, bs: seq<ButtonState>): (ShootingState, seq<ButtonState>)
    requires |bs| == COUNT as int
  {
    var (ok, bs') := TakePressed(bs, OK);
    (if ok then m.(endRequested := true) else m, bs')
  }

  /** draw(): whether it paints everything or only the timer, no redraw is pending afterwards. */
  function ShootingDraw(m: ShootingState): ShootingState
  {
    m.(firstDraw := false, needsUpdate := false)
  }

  /** setTournamentConfig(): stores all four values; only a new group or position
      needs the whole screen repainted. */
  function TournamentConfig(m: ShootingState, time: u8, count: u8, group: SenderConfig.GroupType,
                            position: SenderConfig.Position): ShootingState
  {
    var groupChanged := m.currentGroup != group || m.currentPosition != position;
    var m' := m.(shootingTime := time, shooterCount := count, currentGroup := group, currentPosition := position);
    if groupChanged then m'.(firstDraw := true, needsUpdate := true) else m'
  }

  function PreparationPhase(m: ShootingState, inPrep: bool, remainingMs: u32): ShootingState
  {
    m.(inPreparationPhase := inPrep, remainingSec := CeilSeconds(remainingMs), needsUpdate := true)
  }

  function ShootingPhase(m: ShootingState, remainingMs: u32): ShootingState
  {
    m.(inPreparationPhase := false, remainingSec := CeilSeconds(remainingMs), needsUpdate := true)
  }

  function EndRequestReset(m: ShootingState): ShootingState
  {
    m.(endRequested := false)
  }

  // ---------------------------------------------------------------------
  // The object
  // ---------------------------------------------------------------------

  class SchiessBetriebMenu {
    const buttons: ButtonManager
    var shootingTime: u8
    var shooterCount: u8
    var currentGroup: SenderConfig.GroupType
    var currentPosition: SenderConfig.Position
    var inPreparationPhase: bool
    var remainingSec: u16
    var lastRemainingSec: u16
    var needsUpdate: bool
    var firstDraw: bool
    var endRequested: bool

    function State(): ShootingState
      reads this
    {
      ShootingState(shootingTime, shooterCount, currentGroup, currentPosition, inPreparationPhase,
                    remainingSec, lastRemainingSec, needsUpdate, firstDraw, endRequested)
    }

    constructor (btnMgr: ButtonManager)
      ensures buttons == btnMgr
      ensures State() == Initial
    {
      buttons := btnMgr;
      shootingTime, shooterCount := 120, 2;
      currentGroup, currentPosition := SenderConfig.GroupAB, SenderConfig.Pos1;
      inPreparationPhase, remainingSec, lastRemainingSec := true, 0, 0xFFFF;
      needsUpdate, firstDraw, endRequested := true, true, false;
    }

    method Begin()
      modifies this
      ensures State() == ShootingBegin(old(State()))
    {
      needsUpdate, firstDraw, endRequested := true, true, false;
      lastRemainingSec := 0xFFFF;
    }

    method Update()
      requires buttons.Valid()
      modifies this, buttons.buttons
      ensures (State(), buttons.buttons[..]) == ShootingUpdate(old(State()), old(buttons.buttons[..]))
    {
      var ok := buttons.WasPressed(OK);
      if ok {
        endRequested := true;
      }
    }

    method Draw()
      modifies this
      ensures State() == ShootingDraw(old(State()))
    {
      if firstDraw {
        firstDraw := false;
      }
      needsUpdate := false;
    }

    method SetTournamentConfig(time: u8, count: u8, group: SenderConfig.GroupType,
                               position: SenderConfig.Position)
      modifies this
      ensures State() == TournamentConfig(old(State()), time, count, group, position)
    {
      var groupChanged := currentGroup != group || currentPosition != position;
      shootingTime, shooterCount, currentGroup, currentPosition := time, count, group, position;
      if groupChanged {
        firstDraw, needsUpdate := true, true;
      }
    }

    method SetPreparationPhase(inPrep: bool, remainingMs: u32)
      modifies this
      ensures State() == PreparationPhase(old(State()), inPrep, remainingMs)
    {
      inPreparationPhase := inPrep;
      remainingSec := CeilSeconds(remainingMs);
      needsUpdate := true;
    }

    method SetShootingPhase(remainingMs: u32)
      modifies this
      ensures State() == ShootingPhase(old(State()), remainingMs)
    {
      inPreparationPhase := false;
      remainingSec := CeilSeconds(remainingMs);
      needsUpdate := true;
    }

    method ResetEndRequest()
      modifies this
      ensures State() == EndRequestReset(old(State()))
    {
      endRequested := false;
    }

    method IsEndRequested() returns (r: bool)
      ensures r == endRequested
    {
      r := endRequested;
    }
  }

  // ---------------------------------------------------------------------
  // Properties
  // ---------------------------------------------------------------------

  /** The conversion rounds up to whole seconds: 0 ms is 0 s, and otherwise the
      seconds shown cover the time left but not a full second more. Exact while the
      count of seconds fits in 16 bits. */
  lemma CeilSecondsIsCeiling(ms: u32)
    requires ms <= 65535000
    ensures CeilSeconds(ms) * 1000 >= ms
    ensures ms > 0 ==> (CeilSeconds(ms) - 1) * 1000 < ms
    ensures ms == 0 <==> CeilSeconds(ms) == 0
  {
  }

  /** Outside that range the uint32/uint16 arithmetic wraps: the largest uint32 value
      shows 0 s, and 65536000 ms truncates to 0 s as well. */
  lemma CeilSecondsWrapsOutsideRange()
    ensures CeilSeconds(0xFFFF_FFFF) == 0
    ensures CeilSeconds(65536000) == 0
  {
  }

  /** Both phase setters store the rounded-up time and request a redraw; only the
      preparation setter can leave the preparation flag set. */
  lemma PhaseSetters(m: ShootingState, inPrep: bool, ms: u32)
    ensures var p := PreparationPhase(m, inPrep, ms);
      p.inPreparationPhase == inPrep && p.remainingSec == CeilSeconds(ms) && p.needsUpdate
    ensures var s := ShootingPhase(m, ms);
      !s.inPreparationPhase && s.remainingSec == CeilSeconds(ms) && s.needsUpdate
    ensures ShootingPhase(m, ms) == PreparationPhase(m, false, ms)
  {
  }

  /** The end request is latched: once raised, update keeps it raised; only OK raises it. */
  lemma EndRequestLatched(m: ShootingState, bs: seq<ButtonState>)
    requires |bs| == COUNT as int
    ensures m.endRequested ==> ShootingUpdate(m, bs).0.endRequested
    ensures ShootingUpdate(m, bs).0.endRequested <==> m.endRequested || bs[OK].wasPressedFlag
    ensures !bs[OK].wasPressedFlag ==> ShootingUpdate(m, bs) == (m, bs)
  {
  }

  /** Of the screen's operations only begin and resetEndRequest clear the request. */
  lemma EndRequestClearedOnlyByResets(m: ShootingState, inPrep: bool, ms: u32, time: u8, count: u8,
                                      g: SenderConfig.GroupType, pos: SenderConfig.Position)
    ensures !ShootingBegin(m).endRequested && !EndRequestReset(m).endRequested
    ensures ShootingDraw(m).endRequested == m.endRequested
    ensures PreparationPhase(m, inPrep, ms).endRequested == m.endRequested
    ensures ShootingPhase(m, ms).endRequested == m.endRequested
    ensures TournamentConfig(m, time, count, g, pos).endRequested == m.endRequested
  {
  }

  /** A full redraw is forced by a new group or position, never by time or count alone. */
  lemma FullRedrawOnGroupChange(m: ShootingState, time: u8, count: u8, g: SenderConfig.GroupType,
                                pos: SenderConfig.Position)
    ensures var m' := TournamentConfig(m, time, count, g, pos);
      && m'.shootingTime == time && m'.shooterCount == count
      && m'.currentGroup == g && m'.currentPosition == pos
      && (m.currentGroup != g || m.currentPosition != pos ==> m'.firstDraw && m'.needsUpdate)
      && (m.currentGroup == g && m.currentPosition == pos ==>
            m'.firstDraw == m.firstDraw && m'.needsUpdate == m.needsUpdate)
  {
  }

  /** draw always leaves nothing to redraw. */
  lemma DrawSettles(m: ShootingState)
    ensures !ShootingDraw(m).needsUpdate && !ShootingDraw(m).firstDraw
    ensures ShootingDraw(m).remainingSec == m.remainingSec && ShootingDraw(m).endRequested == m.endRequested
  {
  }

  /** begin forces the full redraw and resets the remembered timer value. */
  lemma BeginForcesRedraw(m: ShootingState)
    ensures var m' := ShootingBegin(m);
      m'.firstDraw && m'.needsUpdate && !m'.endRequested && m'.lastRemainingSec == 0xFFFF
      && m'.remainingSec == m.remainingSec && m'.inPreparationPhase == m.inPreparationPhase
  {
  }
}
