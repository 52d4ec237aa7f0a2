// The capstone's independent watchdog: the LSI clock (about 40 kHz)
// divided by 32 counts down from a 12-bit reload value.
//
// The watchdog is modelled by its registers: the prescaler code, the
// reload register, the down-counter and whether it has been started.

module Watchdog {

  import opened CInt

  const LSI_HZ: int := 40000
  const PRESCALER: int := 32
  const MAX_RELOAD: int := 0x0FFF
  /** IWDG_Prescaler_32 as written to IWDG_PR. */
  const PR_DIV32: int := 0x03

  /** The reload before the clamps: timeout_ms * (40000 / 1000) / 32 on whole numbers. */
  function Ticks(ms: int): int
    requires ms >= 0
  {
    ms * (LSI_HZ / 1000) / PRESCALER
  }

  /** The two clamps of Watchdog_InitMs: 0 becomes 1 and anything above 0x0FFF becomes 0x0FFF. */
  function ClampReload(r: int): (c: int)
    requires r >= 0
    ensures 1 <= c <= MAX_RELOAD
    ensures 1 <= r <= MAX_RELOAD ==> c == r
  {
    if r == 0 then 1 else if r > MAX_RELOAD then MAX_RELOAD else r
  }

  /**
   * The reload as Watchdog_InitMs computes it: the product timeout_ms * 40
   * is a uint32_t and wraps before the division.
   */
  function ReloadAsWritten(ms: int): (r: int)
    requires 0 <= ms < U32_MOD
    ensures 1 <= r <= MAX_RELOAD
  {
    ClampReload(U32(ms * (LSI_HZ / 1000)) / PRESCALER)
  }

  /** A timeout of about 29.8 hours wraps the product to 24 and gets the shortest watchdog instead of the longest. */
  lemma ReloadWraps()
    ensures ReloadAsWritten(107374183) == 1 && Reload(107374183) == MAX_RELOAD
    ensures ReloadAsWritten(107374182) == MAX_RELOAD
  {
  }

  /**
   * The intended reload: the clamps applied to the exact product, so a
   * longer timeout never gives a shorter watchdog.
   */
  function Reload(ms: int): (r: int)
    requires 0 <= ms < U32_MOD
    ensures 1 <= r <= MAX_RELOAD
    ensures r * PRESCALER <= ms * (LSI_HZ / 1000) || ms == 0
    ensures Ticks(ms) <= MAX_RELOAD ==> ms * (LSI_HZ / 1000) < (r + 1) * PRESCALER
  {
    ClampReload(Ticks(ms))
  }

  /** The two agree for every timeout below 107374183 ms, where the product fits in 32 bits. */
  lemma ReloadAgrees(ms: int)
    requires 0 <= ms && ms * (LSI_HZ / 1000) < U32_MOD
    ensures ReloadAsWritten(ms) == Reload(ms)
  {
  }

  lemma ReloadMonotone(a: int, b: int)
    requires 0 <= a <= b < U32_MOD
    ensures Reload(a) <= Reload(b)
  {
    assert a * 40 <= b * 40;
    assert a * 40 / 32 <= b * 40 / 32;
  }

  /** 2000 ms loads 2500 ticks, written as 2499; every value written is in 0 .. 0x0FFE. */
  lemma ReloadExamples(ms: int)
    requires 0 <= ms < U32_MOD
    ensures Reload(2000) - 1 == 2499 && Reload(0) == 1 && Reload(10000) == MAX_RELOAD
    ensures 0 <= Reload(ms) - 1 <= 0x0FFE
  {
  }

  class Iwdg {
    /** IWDG_PR, IWDG_RLR, the down-counter, and whether the watchdog runs. */
    var pr: int
    var rlr: int
    var counter: int
    var running: bool

    constructor ()
      ensures !running
    {
      pr, rlr, counter, running := 0, MAX_RELOAD, MAX_RELOAD, false;
    }

    /**
     * Watchdog_InitMs: prescaler 32, the reload computed as the code does
     * (the product wrapping in uint32_t) and written minus one, the counter
     * loaded, the watchdog started. Below the wrap that is the intended
     * reload.
     */
    method InitMs(ms: int)
      requires 0 <= ms < U32_MOD
      modifies this`pr, this`rlr, this`counter, this`running
      ensures pr == PR_DIV32 && rlr == ReloadAsWritten(ms) - 1 && counter == rlr && running
      ensures ms * (LSI_HZ / 1000) < U32_MOD ==> rlr == Reload(ms) - 1
    {
      var reload := U32(ms * (LSI_HZ / 1000)) / PRESCALER;
      if reload == 0 {
        reload := 1;
      }
      if reload > MAX_RELOAD {
        reload := MAX_RELOAD;
      }
      pr := PR_DIV32;
      rlr := reload - 1;
      counter := rlr;
      running := true;
      if ms * (LSI_HZ / 1000) < U32_MOD {
        ReloadAgrees(ms);
      }
    }

    /** Watchdog_Feed: the counter is reloaded, nothing else changes. */
    method Feed()
      modifies this`counter
      ensures counter == rlr
    {
      counter := rlr;
    }
  }
}
