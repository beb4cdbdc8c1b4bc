/** The receiver's non-blocking buzzer sequencer (BuzzerManager): `beep(n)` starts
    n tones of 500 ms separated by 500 ms pauses, `update` advances the sequence
    against the millisecond clock, `stop` silences it. The pin level is a field. */
module Buzzer {
  import opened Types

  const BEEP_DURATION_MS: u16 := 500
  const PAUSE_DURATION_MS: u16 := 500

  /** state: 1 = tone, anything else = pause. pinHigh is the level last written to the pin. */
  datatype BuzzerState = BuzzerState(
    active: bool,
    state: u8,
    beepCount: u8,
    targetBeeps: u8,
    lastToggle: u32,
    pinHigh: bool)

  const Initial := BuzzerState(false, 0, 0, 0, 0, false)

  function BuzzerBeep(b: BuzzerState, count: u8, now: u32): BuzzerState
  {
    if count == 0 then b
    else BuzzerState(true, 1, 0, count, now, true)
  }

  function BuzzerUpdate(b: BuzzerState, now: u32): BuzzerState
  {
    if !b.active then b
    else
      var elapsed := Elapsed(now, b.lastToggle);
      if b.state == 1 then
        if elapsed >= BEEP_DURATION_MS as int then
          var count := (b.beepCount + 1) % 0x100;
          if count >= b.targetBeeps then b.(pinHigh := false, beepCount := count, active := false)
          else b.(pinHigh := false, beepCount := count, state := 0, lastToggle := now)
        else b
      else if elapsed >= PAUSE_DURATION_MS as int then b.(pinHigh := true, state := 1, lastToggle := now)
      else b
  }

  function BuzzerStop(b: BuzzerState): BuzzerState
  {
    if b.active then b.(pinHigh := false, active := false, state := 0, beepCount := 0, targetBeeps := 0)
    else b
  }

  /** While a sequence runs, fewer tones than requested have finished and the pin is
      high exactly in the tone state; a silent sequencer has its pin low. */
  predicate Inv(b: BuzzerState)
  {
    b.state <= 1
    && (b.active ==> b.beepCount < b.targetBeeps && (b.pinHigh <==> b.state == 1))
    && (!b.active ==> !b.pinHigh)
  }

  /** A sequence that no stop interrupted: when it is over, every requested tone was played. */
  predicate Uninterrupted(b: BuzzerState)
  {
    Inv(b) && (!b.active ==> b.beepCount == b.targetBeeps)
  }

  /** The state after calling update at each of the given instants. */
  function Run(b: BuzzerState, times: seq<u32>): BuzzerState
    decreases |times|
  {
    if times == [] then b else Run(BuzzerUpdate(b, times[0]), times[1..])
  }

  /** The number of HIGH-to-LOW edges on the pin during those updates. */
  function Falls(b: BuzzerState, times: seq<u32>): nat
    decreases |times|
  {
    if times == [] then 0
    else
      var b' := BuzzerUpdate(b, times[0]);
      (if b.pinHigh && !b'.pinHigh then 1 else 0) + Falls(b', times[1..])
  }

  // ---------------------------------------------------------------------
  // The object
  // ---------------------------------------------------------------------

  class BuzzerManager {
    const buzzerPin: u8
    const buzzerFrequency: u16
    var active: bool
    var state: u8
    var beepCount: u8
    var targetBeeps: u8
    var lastToggle: u32
    var pinHigh: bool

    function State(): BuzzerState
      reads this
    {
      BuzzerState(active, state, beepCount, targetBeeps, lastToggle, pinHigh)
    }

    /** The pin level before begin() is not driven; it is taken as low. */
    constructor (pin: u8, frequency: u16)
      ensures buzzerPin == pin && buzzerFrequency == frequency
      ensures State() == Initial
    {
      buzzerPin, buzzerFrequency := pin, frequency;
      active, state, beepCount, targetBeeps, lastToggle := false, 0, 0, 0, 0;
      pinHigh := false;
    }

    method Begin()
      modifies this
      ensures State() == old(State()).(pinHigh := false)
    {
      pinHigh := false;
    }

    method Beep(count: u8, now: u32)
      modifies this
      ensures State() == BuzzerBeep(old(State()), count, now)
    {
      if count == 0 {
        return;
      }
      active := true;
      targetBeeps := count;
      beepCount := 0;
      state := 1;
      lastToggle := now;
      pinHigh := true;
    }

    method Update(now: u32)
      modifies this
      ensures State() == BuzzerUpdate(old(State()), now)
    {
      if !active {
        return;
      }
      var elapsed := Elapsed(now, lastToggle);
      if state == 1 {
        if elapsed >= BEEP_DURATION_MS as int {
          pinHigh := false;
          beepCount := (beepCount + 1) % 0x100;
          if beepCount >= targetBeeps {
            active := false;
            return;
          }
          state := 0;
          lastToggle := now;
        }
      } else {
        if elapsed >= PAUSE_DURATION_MS as int {
          pinHigh := true;
          state := 1;
          lastToggle := now;
        }
      }
    }

    method Stop()
      modifies this
      ensures State() == BuzzerStop(old(State()))
    {
      if active {
        pinHigh := false;
        active := false;
        state := 0;
        beepCount := 0;
        targetBeeps := 0;
      }
    }

    method IsActive() returns (r: bool)
      ensures r == active
    {
      r := active;
    }
  }

  // ---------------------------------------------------------------------
  // Properties
  // ---------------------------------------------------------------------

  /** beep(0) does nothing; beep(n) starts tone 1 of n at once with the pin high. */
  lemma BeepStarts(b: BuzzerState, n: u8, now: u32)
    ensures BuzzerBeep(b, 0, now) == b
    ensures n > 0 ==> var b' := BuzzerBeep(b, n, now);
      b'.active && b'.targetBeeps == n && b'.beepCount == 0 && b'.state == 1 && b'.pinHigh
      && b'.lastToggle == now && Uninterrupted(b')
  {
  }

  /** update on a silent sequencer, or before the current tone or pause has lasted
      500 ms, changes nothing. */
  lemma UpdateWaits(b: BuzzerState, now: u32)
    requires !b.active || Elapsed(now, b.lastToggle) < 500
    ensures BuzzerUpdate(b, now) == b
  {
  }

  /** The end of a tone: the pin goes low and the tone is counted; the sequencer
      goes silent exactly when that was the last tone, otherwise it pauses. */
  lemma ToneEnds(b: BuzzerState, now: u32)
    requires Inv(b) && b.active && b.state == 1 && Elapsed(now, b.lastToggle) >= 500
    ensures var b' := BuzzerUpdate(b, now);
      && !b'.pinHigh && b'.beepCount == b.beepCount + 1
      && (!b'.active <==> b'.beepCount >= b.targetBeeps)
      && (b'.active ==> b'.state == 0 && b'.lastToggle == now)
  {
  }

  /** The end of a pause: the pin goes high and the next tone starts. */
  lemma PauseEnds(b: BuzzerState, now: u32)
    requires Inv(b) && b.active && b.state == 0 && Elapsed(now, b.lastToggle) >= 500
    ensures var b' := BuzzerUpdate(b, now);
      b'.active && b'.pinHigh && b'.state == 1 && b'.lastToggle == now && b'.beepCount == b.beepCount
  {
  }

  /** Every operation keeps the invariant. */
  lemma OperationsKeepInv(b: BuzzerState, n: u8, now: u32)
    requires Inv(b)
    ensures Inv(BuzzerBeep(b, n, now)) && Inv(BuzzerUpdate(b, now)) && Inv(BuzzerStop(b))
  {
  }

  /** stop silences an active sequencer and clears its counters; on a silent one it is a no-op. */
  lemma StopSilences(b: BuzzerState)
    ensures var b' := BuzzerStop(b);
      !b'.active && (b.active ==> !b'.pinHigh && b'.state == 0 && b'.beepCount == 0 && b'.targetBeeps == 0)
      && (!b.active ==> b' == b)
  {
  }

  /** Without stop, updates keep every tone accounted for: the tones counted grow by
      the falling edges of the pin, and never exceed the request. */
  lemma {:induction false} RunCountsFalls(b: BuzzerState, times: seq<u32>)
    requires Uninterrupted(b)
    ensures Uninterrupted(Run(b, times))
    ensures Run(b, times).targetBeeps == b.targetBeeps
    ensures Run(b, times).beepCount == b.beepCount + Falls(b, times)
    decreases |times|
  {
    if times != [] {
      var b' := BuzzerUpdate(b, times[0]);
      assert b.pinHigh && !b'.pinHigh ==> b'.beepCount == b.beepCount + 1;
      assert !(b.pinHigh && !b'.pinHigh) ==> b'.beepCount == b.beepCount;
      RunCountsFalls(b', times[1..]);
    }
  }

  /** beep(n) followed by any updates and no stop produces at most n falling edges,
      and exactly n by the time the sequencer has gone silent. */
  lemma BeepProducesExactlyN(b: BuzzerState, n: u8, now: u32, times: seq<u32>)
    requires n > 0
    ensures Falls(BuzzerBeep(b, n, now), times) <= n
    ensures !Run(BuzzerBeep(b, n, now), times).active <==> Falls(BuzzerBeep(b, n, now), times) == n
  {
    RunCountsFalls(BuzzerBeep(b, n, now), times);
  }

  /** 500 ms later on the millisecond clock. */
  function Later(t: u32): (t': u32)
    ensures Elapsed(t', t) == 500
  {
    (t + 500) % 0x1_0000_0000
  }

  /** Updates every 500 ms: at t + 500, t + 1000, ... (with the clock's wrap). */
  function Paced(t: u32, k: nat): (times: seq<u32>)
    ensures |times| == k
    ensures k > 0 ==> times[0] == Later(t)
    decreases k
  {
    if k == 0 then [] else [Later(t)] + Paced(Later(t), k - 1)
  }

  /** The number of paced updates an active sequencer still needs: two per tone not yet
      ended, less one when the current tone is already sounding. */
  function Remaining(b: BuzzerState): int
  {
    2 * (b.targetBeeps - b.beepCount) - (if b.state == 1 then 1 else 0)
  }

  /** Along updates every 500 ms, the sequencer goes silent exactly after the number of
      updates it still needs. */
  lemma {:induction false} PacedProgress(b: BuzzerState, t: u32, k: nat)
    requires Uninterrupted(b) && b.active && b.lastToggle == t
    ensures !Run(b, Paced(t, k)).active <==> k >= Remaining(b)
    decreases k
  {
    if k > 0 {
      var b1 := BuzzerUpdate(b, Later(t));
      assert Run(b, Paced(t, k)) == Run(b1, Paced(Later(t), k - 1));
      OperationsKeepInv(b, 0, Later(t));
      if b1.active {
        assert Remaining(b1) == Remaining(b) - 1;
        PacedProgress(b1, Later(t), k - 1);
      } else {
        assert Remaining(b) == 1;
        SilentRunStays(b1, Paced(Later(t), k - 1));
      }
    }
  }

  /** A silent sequencer stays silent and unchanged under any updates. */
  lemma {:induction false} SilentRunStays(b: BuzzerState, times: seq<u32>)
    requires !b.active
    ensures Run(b, times) == b
    decreases |times|
  {
    if times != [] {
      SilentRunStays(BuzzerUpdate(b, times[0]), times[1..]);
    }
  }

  /** beep(n) at t with updates every 500 ms is silent after 2n - 1 updates, having
      played all n tones, and still sounding or pausing after fewer. */
  lemma PacedBeepFinishes(b: BuzzerState, n: u8, t: u32, k: nat)
    requires n > 0
    ensures var r := Run(BuzzerBeep(b, n, t), Paced(t, k));
      (!r.active <==> k >= 2 * n - 1) && (!r.active ==> r.beepCount == n && !r.pinHigh)
  {
    PacedProgress(BuzzerBeep(b, n, t), t, k);
    RunCountsFalls(BuzzerBeep(b, n, t), Paced(t, k));
  }
}
