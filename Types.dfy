/** Fixed-width integer types of the AVR target, the millis() wrap-around
    arithmetic shared by all timers, and a small Option type. */
module Types {

  type u8 = x: int | 0 <= x < 0x100
  type u16 = x: int | 0 <= x < 0x1_0000
  type u32 = x: int | 0 <= x < 0x1_0000_0000

  datatype Option<+T> = None | Some(value: T)

  /** `now - since` computed in uint32_t arithmetic, as every
      `millis() - timestamp` comparison of the firmware does. */
  function Elapsed(now: u32, since: u32): (d: u32)
    ensures now >= since ==> d == now - since
    ensures now < since ==> d == now - since + 0x1_0000_0000
  {
    (now - since) % 0x1_0000_0000
  }

  /** An interval measured from the current instant is zero, and one tick
      later it is one, even across the 2^32 wrap. */
  lemma ElapsedZeroAndStep(t: u32)
    ensures Elapsed(t, t) == 0
    ensures Elapsed((t + 1) % 0x1_0000_0000, t) == 1
  {
  }
}
